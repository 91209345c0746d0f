/** The Cloud Logging collector: it parses Cloud Run entries written as
    `LEVEL:cloud-rca:{json}`, groups them by trace id, sorts each trace by
    timestamp, and saves them with per-trace metadata under `data/`.

    The Cloud Logging client, the clock, the file system and `json.loads`
    (a parameter `decode`, None for text that is not a JSON object) are
    inputs. */
module LogCollector {
  import opened Wrappers
  import opened JsonValue
  import opened SeqFilter
  import opened OrderedDict
  import StableSort
  import StringOrder

  // ------------------------------------------------------- parsing

  /** A log entry as the client returns it. `severity` is the platform's
      own severity, which parsing ignores. */
  datatype Entry = Entry(payload: Json, timestamp: Option<string>, severity: string, logName: Json, labels: Option<Dict>)

  const Levels: seq<string> := ["ERROR", "WARNING", "INFO", "CRITICAL"]

  /** What follows the level in the pattern, up to its opening brace. */
  const Marker: string := ":cloud-rca:{"

  predicate StartsAt(s: string, p: nat, t: string) {
    p + |t| <= |s| && s[p..p + |t|] == t
  }

  /** The alternative `(ERROR|WARNING|INFO|CRITICAL):cloud-rca:\{` that
      matches at position `p`, tried in order. */
  function LevelAt(s: string, p: nat): (r: Option<string>)
    ensures r.Some? ==> r.value in Levels && StartsAt(s, p, r.value + Marker)
    ensures r.None? ==> forall l :: l in Levels ==> !StartsAt(s, p, l + Marker)
  {
    if StartsAt(s, p, "ERROR" + Marker) then Some("ERROR")
    else if StartsAt(s, p, "WARNING" + Marker) then Some("WARNING")
    else if StartsAt(s, p, "INFO" + Marker) then Some("INFO")
    else if StartsAt(s, p, "CRITICAL" + Marker) then Some("CRITICAL")
    else None
  }

  /** The end of the line holding position `i`: `.` does not match a
      newline. */
  function LineEnd(s: string, i: nat): (j: nat)
    requires i <= |s|
    ensures i <= j <= |s| && (j == |s| || s[j] == '\n')
    ensures forall k :: i <= k < j ==> s[k] != '\n'
    decreases |s| - i
  {
    if i == |s| || s[i] == '\n' then i else LineEnd(s, i + 1)
  }

  /** The last `}` in `s[lo..hi]`: where the greedy `.+\}` stops. */
  function LastBrace(s: string, lo: nat, hi: nat): (r: Option<nat>)
    requires lo <= hi <= |s|
    ensures r.Some? ==> lo <= r.value < hi && s[r.value] == '}' && forall k :: r.value < k < hi ==> s[k] != '}'
    ensures r.None? ==> forall k :: lo <= k < hi ==> s[k] != '}'
    decreases hi - lo
  {
    if hi == lo then None
    else if s[hi - 1] == '}' then Some(hi - 1)
    else LastBrace(s, lo, hi - 1)
  }

  /** A match starting at `p`: the level and the braced text `\{.+\}`. */
  function MatchAt(s: string, p: nat): (r: Option<(string, string)>)
    requires p <= |s|
    ensures r.Some? ==>
      r.value.0 in Levels && |r.value.1| >= 3 && r.value.1[0] == '{' && r.value.1[|r.value.1| - 1] == '}'
      && forall k :: 0 <= k < |r.value.1| ==> r.value.1[k] != '\n'
  {
    match LevelAt(s, p)
    case None => None
    case Some(level) =>
      var open := p + |level| + |Marker| - 1;
      assert s[open] == (level + Marker)[|level| + |Marker| - 1] == '{';
      var end := LineEnd(s, open + 1);
      if open + 2 > end then None
      else
        match LastBrace(s, open + 2, end)
        case None => None
        case Some(e) => Some((level, s[open..e + 1]))
  }

  /** `re.search`: the leftmost match. */
  function Search(s: string, p: nat): (r: Option<(string, string)>)
    requires p <= |s|
    ensures r.Some? ==>
      r.value.0 in Levels && |r.value.1| >= 3 && r.value.1[0] == '{' && r.value.1[|r.value.1| - 1] == '}'
    decreases |s| - p
  {
    match MatchAt(s, p)
    case Some(m) => Some(m)
    case None => if p == |s| then None else Search(s, p + 1)
  }

  /** The candidate match at every position of `s`, from 0 to `|s|`. */
  function Matches(s: string): (ms: seq<Option<(string, string)>>)
    ensures |ms| == |s| + 1
  {
    seq(|s| + 1, j requires 0 <= j <= |s| => MatchAt(s, j))
  }

  /** The first candidate from `p` on that holds a match. */
  function FirstMatch<T>(ms: seq<Option<T>>, p: nat): (r: Option<T>)
    requires p <= |ms|
    decreases |ms| - p
  {
    if p == |ms| then None else if ms[p].Some? then ms[p] else FirstMatch(ms, p + 1)
  }

  /** `FirstMatch` is the leftmost match: it is the candidate at some `q`
      with no match before `q`, and it is None iff no candidate matches. */
  lemma {:induction false} FirstMatchLeftmost<T>(ms: seq<Option<T>>, p: nat)
    requires p <= |ms|
    ensures FirstMatch(ms, p).Some? ==>
      exists q :: p <= q < |ms| && ms[q] == FirstMatch(ms, p) && forall j :: p <= j < q ==> ms[j].None?
    ensures FirstMatch(ms, p).None? <==> forall j :: p <= j < |ms| ==> ms[j].None?
    decreases |ms| - p
  {
    if p < |ms| && ms[p].None? {
      FirstMatchLeftmost(ms, p + 1);
      if FirstMatch(ms, p).Some? {
        var q :| p + 1 <= q < |ms| && ms[q] == FirstMatch(ms, p + 1) && forall j :: p + 1 <= j < q ==> ms[j].None?;
        assert forall j :: p <= j < q ==> ms[j].None?;
      }
    }
  }

  /** `Search` tries the positions from `p` in order. */
  lemma {:induction false} SearchIsFirstMatch(s: string, p: nat)
    requires p <= |s|
    ensures Search(s, p) == FirstMatch(Matches(s), p)
    decreases |s| - p
  {
    assert Matches(s)[p] == MatchAt(s, p);
    if p < |s| {
      SearchIsFirstMatch(s, p + 1);
    }
  }

  /** `re.search` finds the leftmost match: a result is the match at some
      position `q` with no match between `p` and `q`, and there is no
      result iff no position from `p` on matches. */
  lemma SearchLeftmost(s: string, p: nat)
    requires p <= |s|
    ensures Search(s, p).Some? ==>
      exists q :: p <= q <= |s| && Matches(s)[q] == Search(s, p) && forall j :: p <= j < q ==> Matches(s)[j].None?
    ensures Search(s, p).None? <==> forall j :: p <= j <= |s| ==> Matches(s)[j].None?
  {
    SearchIsFirstMatch(s, p);
    FirstMatchLeftmost(Matches(s), p);
  }

  const ParsedKeys: set<string> :=
    {"trace_id", "message", "service", "root_cause", "suggestion", "timestamp", "severity", "log_name", "resource_labels"}

  /** `parse_log_entry`: None for a payload that is not text, for text
      without the pattern, for braced text that is not a JSON object, and
      for a missing or falsy `trace_id`. */
  function Parse(e: Entry, decode: string -> Option<Dict>): (r: Option<Dict>)
    ensures !e.payload.JStr? ==> r.None?
    ensures e.payload.JStr? && Search(e.payload.s, 0).None? ==> r.None?
    ensures r.Some? ==>
      var m := Search(e.payload.s, 0).value;
      && decode(m.1).Some?
      && r.value.Keys == ParsedKeys
      && r.value["severity"] == JStr(m.0)
      && r.value["trace_id"] == PyGet(decode(m.1).value, "trace_id", JNull)
      && PyTruthy(r.value["trace_id"])
      && r.value["timestamp"] == (if e.timestamp.Some? then JStr(e.timestamp.value) else JNull)
    ensures e.payload.JStr? && Search(e.payload.s, 0).Some? ==>
      var m := Search(e.payload.s, 0).value;
      (r.Some? <==> decode(m.1).Some? && PyTruthy(PyGet(decode(m.1).value, "trace_id", JNull)))
  {
    if !e.payload.JStr? then None
    else
      match Search(e.payload.s, 0)
      case None => None
      case Some(m) =>
        match decode(m.1)
        case None => None
        case Some(data) =>
          var traceId := PyGet(data, "trace_id", JNull);
          if !PyTruthy(traceId) then None
          else
            Some(map[
              "trace_id" := traceId,
              "message" := PyGet(data, "message", JNull),
              "service" := PyGet(data, "service", JNull),
              "root_cause" := PyGet(data, "root_cause", JNull),
              "suggestion" := PyGet(data, "suggestion", JNull),
              "timestamp" := if e.timestamp.Some? then JStr(e.timestamp.value) else JNull,
              "severity" := JStr(m.0),
              "log_name" := e.logName,
              "resource_labels" := JObj(if e.labels.Some? then e.labels.value else map[])])
  }

  /** A payload that is exactly `LEVEL:cloud-rca:{body}` on one line is
      matched at its start, with the level of its prefix and the whole
      braced text. */
  lemma {:induction false} PrefixedPayloadMatches(level: string, body: string)
    requires level in Levels && |body| >= 1
    requires forall k :: 0 <= k < |body| ==> body[k] != '\n'
    ensures Search(level + Marker + body + "}", 0) == Some((level, "{" + body + "}"))
  {
    var s := level + Marker + body + "}";
    assert s[..|level + Marker|] == level + Marker;
    assert s[0] == level[0];
    assert LevelAt(s, 0) == Some(level) by {
      assert StartsAt(s, 0, level + Marker);
      forall l | l in Levels && l[0] != level[0]
        ensures !StartsAt(s, 0, l + Marker)
      {
        assert (l + Marker)[0] == l[0];
      }
    }
    var open := |level| + |Marker| - 1;
    forall k | open + 1 <= k < |s|
      ensures s[k] != '\n'
    {
      if k < |s| - 1 {
        assert s[k] == body[k - open - 1];
      }
    }
    LineEndOfLine(s, open + 1);
    assert LastBrace(s, open + 2, |s|) == Some(|s| - 1);
    assert s[open..|s|] == "{" + body + "}";
  }

  /** With no newline from `i` on, the line runs to the end of the text. */
  lemma {:induction false} LineEndOfLine(s: string, i: nat)
    requires i <= |s| && forall k :: i <= k < |s| ==> s[k] != '\n'
    ensures LineEnd(s, i) == |s|
    decreases |s| - i
  {
    if i < |s| {
      LineEndOfLine(s, i + 1);
    }
  }

  /** The severity of a parsed entry is the level of its text prefix, not
      the platform's severity. */
  lemma SeverityFromPrefix(e: Entry, decode: string -> Option<Dict>, level: string, body: string, platform: string)
    requires level in Levels && |body| >= 1
    requires forall k :: 0 <= k < |body| ==> body[k] != '\n'
    requires e.payload == JStr(level + Marker + body + "}")
    requires Parse(e, decode).Some?
    ensures Parse(e.(severity := platform), decode).Some?
    ensures Parse(e.(severity := platform), decode).value["severity"] == JStr(level)
  {
    PrefixedPayloadMatches(level, body);
  }

  // ------------------------------------------------------- grouping

  /** The `defaultdict(list)` of `fetch_logs`: trace ids with their logs,
      in order of first appearance. */
  type Groups = seq<(Json, seq<Dict>)>

  function TraceOf(p: Dict): Json {
    PyGet(p, "trace_id", JNull)
  }

  /** `if parsed and parsed["trace_id"]`: the entries the grouping keeps. */
  predicate Kept(o: Option<Dict>) {
    o.Some? && PyTruthy(TraceOf(o.value))
  }

  /** The kept parses of the entries, in the order the client returned
      them. The grouping is stated for any parser `parse`; `FetchLogs`
      passes `Parse`. */
  function Parsed(entries: seq<Entry>, parse: Entry -> Option<Dict>): (r: seq<Dict>)
    ensures |r| <= |entries|
  {
    if entries == [] then []
    else
      var last := parse(entries[|entries| - 1]);
      Parsed(entries[..|entries| - 1], parse) + (if Kept(last) then [last.value] else [])
  }

  lemma {:induction false} ParsedPrefix(entries: seq<Entry>, parse: Entry -> Option<Dict>, n: nat)
    requires n <= |entries|
    ensures Parsed(entries[..n], parse) <= Parsed(entries, parse)
    decreases |entries| - n
  {
    if n < |entries| {
      assert entries[..n + 1][..n] == entries[..n];
      ParsedPrefix(entries, parse, n + 1);
    } else {
      assert entries[..n] == entries;
    }
  }

  /** `traces[parsed["trace_id"]].append(parsed)`. */
  function Append(g: Groups, p: Dict): (r: Groups)
    requires DistinctKeys(g)
    ensures DistinctKeys(r)
  {
    Put(g, TraceOf(p), Get(g, TraceOf(p), []) + [p])
  }

  /** The grouping loop; a trace id that cannot be a dict key raises. */
  function Grouped(parsed: seq<Dict>): (r: Result<Groups, PyError>)
    ensures r.Ok? <==> forall i :: 0 <= i < |parsed| ==> Hashable(TraceOf(parsed[i]))
    ensures r.Err? ==> r.error == TypeError
    ensures r.Ok? ==> DistinctKeys(r.value)
  {
    if parsed == [] then Ok([])
    else
      var init, last := parsed[..|parsed| - 1], parsed[|parsed| - 1];
      assert parsed == init + [last];
      match Grouped(init)
      case Err(e) => Err(e)
      case Ok(g) => if Hashable(TraceOf(last)) then Ok(Append(g, last)) else Err(TypeError)
  }

  /** `sum(len(logs) for logs in traces.values())`: every trace's list is
      counted in the total. */
  function SumLengths(g: Groups): (n: nat)
    ensures forall i :: 0 <= i < |g| ==> |g[i].1| <= n
  {
    if g == [] then 0
    else
      var init := g[..|g| - 1];
      assert forall i :: 0 <= i < |init| ==> init[i] == g[i];
      SumLengths(init) + |g[|g| - 1].1|
  }

  lemma {:induction false} SumLengthsUpdate(g: Groups, i: nat, e: (Json, seq<Dict>))
    requires i < |g|
    ensures SumLengths(g[i := e]) == SumLengths(g) - |g[i].1| + |e.1|
  {
    var last := |g| - 1;
    if i == last {
      assert g[i := e][..last] == g[..last];
    } else {
      assert g[i := e][..last] == g[..last][i := e];
      SumLengthsUpdate(g[..last], i, e);
    }
  }

  /** One more parsed entry makes the lists one entry longer in all. */
  lemma AppendAddsOne(g: Groups, p: Dict)
    requires DistinctKeys(g)
    ensures SumLengths(Append(g, p)) == SumLengths(g) + 1
  {
    var k := TraceOf(p);
    var i := Find(g, k);
    if i >= 0 {
      assert Append(g, p) == g[i := (k, g[i].1 + [p])];
      SumLengthsUpdate(g, i, (k, g[i].1 + [p]));
    } else {
      assert Get(g, k, []) + [p] == [p];
      assert Append(g, p) == g + [(k, [p])];
      assert (g + [(k, [p])])[..|g|] == g;
    }
  }

  /** Every parsed entry lands in its own trace's list and nowhere else:
      the list of a trace id is exactly the parsed entries carrying it, in
      arrival order. */
  lemma {:induction false} GroupsAreExact(parsed: seq<Dict>, k: Json)
    requires Grouped(parsed).Ok?
    ensures Get(Grouped(parsed).value, k, []) == Filter(parsed, p => TraceOf(p) == k)
  {
    if parsed != [] {
      var init, last := parsed[..|parsed| - 1], parsed[|parsed| - 1];
      assert parsed == init + [last];
      GroupsAreExact(init, k);
      var g := Grouped(init).value;
      FilterSnoc(init, last, p => TraceOf(p) == k);
      if TraceOf(last) == k {
        PutSame(g, k, Get(g, k, []) + [last], []);
      } else {
        PutOther(g, TraceOf(last), Get(g, TraceOf(last), []) + [last], k, []);
      }
    }
  }

  /** The lists hold every parsed entry once: their lengths add up to the
      number of parsed entries. */
  lemma {:induction false} GroupSizesAddUp(parsed: seq<Dict>)
    requires Grouped(parsed).Ok?
    ensures SumLengths(Grouped(parsed).value) == |parsed|
  {
    if parsed != [] {
      var init, last := parsed[..|parsed| - 1], parsed[|parsed| - 1];
      assert parsed == init + [last];
      GroupSizesAddUp(init);
      AppendAddsOne(Grouped(init).value, last);
    }
  }

  // ------------------------------------------------------- sorting

  /** The sort key `x["timestamp"]`, as text. */
  function TimestampKey(p: Dict): string {
    var t := PyGet(p, "timestamp", JNull);
    if t.JStr? then t.s else ""
  }

  predicate HasTextTimestamp(p: Dict) {
    PyGet(p, "timestamp", JNull).JStr?
  }

  /** `logs.sort(key=lambda x: x["timestamp"])`: a stable sort in code-point
      order of the timestamps. With two or more logs every key is compared,
      and comparing a None timestamp raises. */
  function SortLogs(logs: seq<Dict>): (r: Result<seq<Dict>, PyError>)
    ensures r.Err? <==> |logs| >= 2 && exists i :: 0 <= i < |logs| && !HasTextTimestamp(logs[i])
    ensures r.Err? ==> r.error == TypeError
    ensures r.Ok? ==> multiset(r.value) == multiset(logs)
    ensures r.Ok? ==> StableSort.SortedBy(r.value, TimestampKey, StringOrder.Le)
  {
    if |logs| >= 2 && exists i :: 0 <= i < |logs| && !HasTextTimestamp(logs[i]) then Err(TypeError)
    else
      StringOrder.LeIsTotalOrder();
      StableSort.SortPermutesAndOrders(logs, TimestampKey, StringOrder.Le);
      Ok(StableSort.Sort(logs, TimestampKey, StringOrder.Le))
  }

  /** Logs with the same timestamp keep the order they arrived in. */
  lemma SortKeepsArrivalOrder(logs: seq<Dict>, t: string)
    requires SortLogs(logs).Ok?
    ensures StableSort.WithKey(SortLogs(logs).value, TimestampKey, t) == StableSort.WithKey(logs, TimestampKey, t)
  {
    StringOrder.LeIsTotalOrder();
    StableSort.SortIsStable(logs, TimestampKey, StringOrder.Le, t);
  }

  /** Every list sorted, or the first sort that raises. */
  function SortAll(g: Groups): (r: Result<Groups, PyError>)
    ensures r.Err? <==> exists j :: 0 <= j < |g| && SortLogs(g[j].1).Err?
    ensures r.Ok? ==> |r.value| == |g| && Keys(r.value) == Keys(g)
    ensures r.Ok? ==> forall j :: 0 <= j < |g| ==> r.value[j] == (g[j].0, SortLogs(g[j].1).value)
  {
    if exists j :: 0 <= j < |g| && SortLogs(g[j].1).Err? then Err(TypeError)
    else Ok(seq(|g|, j requires 0 <= j < |g| => (g[j].0, SortLogs(g[j].1).value)))
  }

  lemma ParsedStep(entries: seq<Entry>, parse: Entry -> Option<Dict>, i: nat)
    requires i < |entries|
    ensures Parsed(entries[..i + 1], parse) ==
      Parsed(entries[..i], parse) + (if Kept(parse(entries[i])) then [parse(entries[i]).value] else [])
  {
    assert entries[..i + 1][..i] == entries[..i];
  }

  lemma GroupedSnoc(parsed: seq<Dict>, p: Dict)
    requires Grouped(parsed).Ok? && Hashable(TraceOf(p))
    ensures Grouped(parsed + [p]) == Ok(Append(Grouped(parsed).value, p))
  {
    assert (parsed + [p])[..|parsed|] == parsed;
  }

  /** One entry whose trace id cannot be a key makes the whole grouping raise. */
  lemma UnhashableTraceFails(entries: seq<Entry>, parse: Entry -> Option<Dict>, i: nat)
    requires i < |entries| && Kept(parse(entries[i])) && !Hashable(TraceOf(parse(entries[i]).value))
    ensures Grouped(Parsed(entries, parse)).Err?
  {
    ParsedStep(entries, parse, i);
    ParsedPrefix(entries, parse, i + 1);
    var n := |Parsed(entries[..i + 1], parse)|;
    assert Parsed(entries, parse)[n - 1] == parse(entries[i]).value;
  }

  /** The first loop of `fetch_logs`: every entry is parsed and the kept
      ones are appended to their trace's list. */
  method GroupEntries(entries: seq<Entry>, parse: Entry -> Option<Dict>)
    returns (r: Result<Groups, PyError>, countEntries: nat, countParsed: nat)
    ensures r == Grouped(Parsed(entries, parse))
    ensures r.Ok? ==> countEntries == |entries| && countParsed == |Parsed(entries, parse)|
  {
    var traces: Groups := [];
    countEntries, countParsed := 0, 0;
    var i := 0;
    while i < |entries|
      invariant 0 <= i <= |entries|
      invariant countEntries == i && countParsed == |Parsed(entries[..i], parse)|
      invariant Grouped(Parsed(entries[..i], parse)) == Ok(traces)
    {
      var parsed := parse(entries[i]);
      ParsedStep(entries, parse, i);
      countEntries := countEntries + 1;
      if parsed.Some? && PyTruthy(TraceOf(parsed.value)) {
        countParsed := countParsed + 1;
        if !Hashable(TraceOf(parsed.value)) {
          UnhashableTraceFails(entries, parse, i);
          return Err(TypeError), countEntries, countParsed;
        }
        GroupedSnoc(Parsed(entries[..i], parse), parsed.value);
        traces := Append(traces, parsed.value);
        assert Parsed(entries[..i + 1], parse) == Parsed(entries[..i], parse) + [parsed.value];
      } else {
        assert Parsed(entries[..i + 1], parse) == Parsed(entries[..i], parse);
      }
      i := i + 1;
    }
    assert entries[..i] == entries;
    r := Ok(traces);
  }

  /** The second loop of `fetch_logs`: each trace's list is sorted in place. */
  method SortGroups(grouped: Groups) returns (r: Result<Groups, PyError>)
    ensures r == SortAll(grouped)
  {
    var traces := grouped;
    var j := 0;
    while j < |traces|
      invariant 0 <= j <= |traces| == |grouped|
      invariant forall k :: 0 <= k < j ==> SortLogs(grouped[k].1).Ok? && traces[k] == (grouped[k].0, SortLogs(grouped[k].1).value)
      invariant forall k :: j <= k < |traces| ==> traces[k] == grouped[k]
    {
      var sorted := SortLogs(traces[j].1);
      if sorted.Err? {
        assert SortLogs(grouped[j].1).Err?;
        return Err(TypeError);
      }
      traces := traces[j := (traces[j].0, sorted.value)];
      j := j + 1;
    }
    assert traces == SortAll(grouped).value;
    r := Ok(traces);
  }

  /** `fetch_logs` over the entries the client returned: the grouped and
      sorted traces, with the counts of entries seen and parsed. */
  method FetchLogs(entries: seq<Entry>, decode: string -> Option<Dict>)
    returns (r: Result<Groups, PyError>, countEntries: nat, countParsed: nat)
    ensures r == (match Grouped(Parsed(entries, e => Parse(e, decode))) case Err(e) => Err(e) case Ok(g) => SortAll(g))
    ensures r.Ok? ==> countEntries == |entries| && countParsed == |Parsed(entries, e => Parse(e, decode))|
  {
    var grouped;
    grouped, countEntries, countParsed := GroupEntries(entries, e => Parse(e, decode));
    if grouped.Err? {
      return Err(grouped.error), countEntries, countParsed;
    }
    r := SortGroups(grouped.value);
  }

  // ------------------------------------------------------- metadata

  /** `log["severity"]`: the stored severity, which every parsed entry
      holds (see `Parse`). */
  function SeverityOf(p: Dict): (v: Json)
    ensures "severity" in p ==> v == p["severity"]
  {
    PyGet(p, "severity", JNull)
  }

  /** `sum(1 for log in logs if log["severity"] == level)`, once every log
      has a severity. */
  function CountLevel(logs: seq<Dict>, level: string): nat {
    |Filter(logs, p => SeverityOf(p) == JStr(level))|
  }

  /** A severity the pattern can produce. */
  predicate OfLevel(p: Dict) {
    SeverityOf(p).JStr? && SeverityOf(p).s in Levels
  }

  /** A count is positive iff some log has that severity. */
  lemma CountPositive(logs: seq<Dict>, level: string)
    ensures CountLevel(logs, level) > 0 <==> exists i :: 0 <= i < |logs| && SeverityOf(logs[i]) == JStr(level)
  {
    var f := Filter(logs, p => SeverityOf(p) == JStr(level));
    if |f| > 0 {
      FilterMembers(logs, p => SeverityOf(p) == JStr(level), f[0]);
    }
    forall i | 0 <= i < |logs| && SeverityOf(logs[i]) == JStr(level)
      ensures |f| > 0
    {
      FilterMembers(logs, p => SeverityOf(p) == JStr(level), logs[i]);
    }
  }

  /** The four counts and the logs of no level add up to the log count. */
  lemma {:induction false} LevelCountsAddUp(logs: seq<Dict>)
    ensures CountLevel(logs, "ERROR") + CountLevel(logs, "WARNING") + CountLevel(logs, "INFO")
      + CountLevel(logs, "CRITICAL") + |Filter(logs, p => !OfLevel(p))| == |logs|
  {
    if logs != [] {
      var init, last := logs[..|logs| - 1], logs[|logs| - 1];
      assert logs == init + [last];
      LevelCountsAddUp(init);
      FilterSnoc(init, last, p => SeverityOf(p) == JStr("ERROR"));
      FilterSnoc(init, last, p => SeverityOf(p) == JStr("WARNING"));
      FilterSnoc(init, last, p => SeverityOf(p) == JStr("INFO"));
      FilterSnoc(init, last, p => SeverityOf(p) == JStr("CRITICAL"));
      FilterSnoc(init, last, p => !OfLevel(p));
    }
  }

  /** The severity counts never exceed the log count, and they account for
      every log exactly when every severity is one of the four levels. */
  lemma SeverityCountsCoverLogs(logs: seq<Dict>)
    ensures CountLevel(logs, "ERROR") + CountLevel(logs, "WARNING") + CountLevel(logs, "INFO")
      + CountLevel(logs, "CRITICAL") <= |logs|
    ensures (CountLevel(logs, "ERROR") + CountLevel(logs, "WARNING") + CountLevel(logs, "INFO")
      + CountLevel(logs, "CRITICAL") == |logs|) <==> (forall i :: 0 <= i < |logs| ==> OfLevel(logs[i]))
  {
    LevelCountsAddUp(logs);
    var rest := Filter(logs, p => !OfLevel(p));
    if |rest| > 0 {
      FilterMembers(logs, p => !OfLevel(p), rest[0]);
    }
    forall i | 0 <= i < |logs| && !OfLevel(logs[i])
      ensures |rest| > 0
    {
      FilterMembers(logs, p => !OfLevel(p), logs[i]);
    }
  }

  /** Every parsed log carries one of the four levels. */
  lemma ParsedSeverityIsLevel(e: Entry, decode: string -> Option<Dict>)
    requires Parse(e, decode).Some?
    ensures OfLevel(Parse(e, decode).value)
  {
  }

  predicate Severe(p: Dict) {
    SeverityOf(p) == JStr("ERROR") || SeverityOf(p) == JStr("CRITICAL")
  }

  const MetadataKeys: set<string> := {"log_count", "severity_counts", "has_errors", "first_seen", "last_seen", "logs"}

  function LevelCounts(logs: seq<Dict>): (r: Json)
    ensures r.JObj? && r.fields.Keys == {"ERROR", "WARNING", "INFO", "CRITICAL"}
  {
    JObj(map[
      "ERROR" := JNum(CountLevel(logs, "ERROR") as real),
      "WARNING" := JNum(CountLevel(logs, "WARNING") as real),
      "INFO" := JNum(CountLevel(logs, "INFO") as real),
      "CRITICAL" := JNum(CountLevel(logs, "CRITICAL") as real)])
  }

  predicate MissingSeverity(logs: seq<Dict>) {
    exists i :: 0 <= i < |logs| && "severity" !in logs[i]
  }

  predicate MissingTimestamp(logs: seq<Dict>) {
    |logs| > 0 && ("timestamp" !in logs[0] || "timestamp" !in logs[|logs| - 1])
  }

  /** The metadata `save_logs_to_json` stores for one trace. The counts are
      computed first, so a log without a severity raises before a missing
      timestamp does. */
  function Metadata(logs: seq<Dict>): (r: Result<Dict, PyError>)
    ensures MissingSeverity(logs) ==> r == Err(KeyError("severity"))
    ensures !MissingSeverity(logs) && MissingTimestamp(logs) ==> r == Err(KeyError("timestamp"))
    ensures r.Err? <==> MissingSeverity(logs) || MissingTimestamp(logs)
    ensures r.Ok? ==> r.value.Keys == MetadataKeys
    ensures r.Ok? ==> r.value["log_count"] == JNum(|logs| as real)
    ensures r.Ok? ==> r.value["severity_counts"] == LevelCounts(logs)
    ensures r.Ok? ==> r.value["has_errors"].JBool?
    ensures r.Ok? ==> r.value["first_seen"] == (if logs == [] then JNull else logs[0]["timestamp"])
    ensures r.Ok? ==> r.value["last_seen"] == (if logs == [] then JNull else logs[|logs| - 1]["timestamp"])
  {
    if MissingSeverity(logs) then Err(KeyError("severity"))
    else if MissingTimestamp(logs) then Err(KeyError("timestamp"))
    else
      Ok(map[
        "log_count" := JNum(|logs| as real),
        "severity_counts" := LevelCounts(logs),
        "has_errors" := JBool(CountLevel(logs, "ERROR") > 0 || CountLevel(logs, "CRITICAL") > 0),
        "first_seen" := if logs == [] then JNull else logs[0]["timestamp"],
        "last_seen" := if logs == [] then JNull else logs[|logs| - 1]["timestamp"],
        "logs" := JArr(seq(|logs|, i requires 0 <= i < |logs| => JObj(logs[i])))])
  }

  /** `has_errors` is set iff some log of the trace is ERROR or CRITICAL. */
  lemma HasErrorsIffSevere(logs: seq<Dict>)
    requires Metadata(logs).Ok?
    ensures Metadata(logs).value["has_errors"] == JBool(true) <==> exists i :: 0 <= i < |logs| && Severe(logs[i])
  {
    CountPositive(logs, "ERROR");
    CountPositive(logs, "CRITICAL");
  }

  /** Parsed logs always have a severity and a timestamp, so their metadata
      never raises. */
  lemma ParsedLogsHaveMetadata(logs: seq<Dict>)
    requires forall i :: 0 <= i < |logs| ==> logs[i].Keys == ParsedKeys
    ensures Metadata(logs).Ok?
  {
  }

  /** The metadata of every trace, in order, or the first error. */
  function MetadataAll(traces: Groups): (r: Result<seq<(Json, Dict)>, PyError>)
    ensures r.Ok? ==> Keys(r.value) == Keys(traces)
  {
    if traces == [] then Ok([])
    else
      var init, last := traces[..|traces| - 1], traces[|traces| - 1];
      assert forall j :: 0 <= j < |init| ==> init[j] == traces[j];
      match MetadataAll(init)
      case Err(e) => Err(e)
      case Ok(m) =>
        var d := Metadata(last.1);
        if d.Err? then Err(d.error) else Ok(m + [(last.0, d.value)])
  }

  /** Each trace's saved entry is that trace's own metadata. */
  lemma {:induction false} MetadataOfEachTrace(traces: Groups, j: nat)
    requires j < |traces| && MetadataAll(traces).Ok?
    ensures Metadata(traces[j].1).Ok? && MetadataAll(traces).value[j] == (traces[j].0, Metadata(traces[j].1).value)
  {
    var init := traces[..|traces| - 1];
    if j < |init| {
      MetadataOfEachTrace(init, j);
    }
  }

  /** The save raises iff some trace's metadata raises. */
  lemma {:induction false} MetadataFails(traces: Groups, j: nat)
    requires j < |traces| && Metadata(traces[j].1).Err?
    ensures MetadataAll(traces).Err?
  {
    var init := traces[..|traces| - 1];
    if j < |init| {
      assert init[j] == traces[j];
      MetadataFails(init, j);
    } else {
      assert traces[j] == traces[|traces| - 1];
    }
  }

  lemma {:induction false} MetadataErrorPersists(traces: Groups, n: nat)
    requires n <= |traces| && MetadataAll(traces[..n]).Err?
    ensures MetadataAll(traces) == MetadataAll(traces[..n])
    decreases |traces| - n
  {
    if n < |traces| {
      assert traces[..n + 1][..n] == traces[..n];
      MetadataErrorPersists(traces, n + 1);
    } else {
      assert traces[..n] == traces;
    }
  }

  const DataDir: string := "data"
  const ProjectId: string := "project-e2bcb697-e160-439a-a3c"
  const ServiceName: string := "cloud-rca-service"

  /** What `save_logs_to_json` writes, and where. */
  datatype Saved = Saved(path: string, fetchTime: string, projectId: string, serviceName: string,
                         totalTraces: nat, totalLogs: nat, traces: seq<(Json, Dict)>)

  /** `os.path.join(DATA_DIR, name)`: an absolute name replaces the directory. */
  function DataPath(name: string): (r: string)
    ensures |name| > 0 && name[0] == '/' ==> r == name
    ensures !(|name| > 0 && name[0] == '/') ==> r == DataDir + "/" + name
  {
    if |name| > 0 && name[0] == '/' then name else DataDir + "/" + name
  }

  /** `save_logs_to_json(traces, filename)`, with the timestamp text `stamp`
      and the fetch time as inputs. The metadata loop raises on the first
      trace whose metadata raises, before anything is written. */
  method SaveLogs(traces: Groups, filename: Option<string>, stamp: string, fetchTime: string)
    returns (r: Result<Saved, PyError>)
    requires DistinctKeys(traces)
    ensures MetadataAll(traces).Err? ==> r == Err(MetadataAll(traces).error)
    ensures r.Ok? <==> MetadataAll(traces).Ok?
    ensures r.Ok? ==> r.value == Saved(DataPath(FileName(filename, stamp)), fetchTime, ProjectId, ServiceName,
                                       |traces|, SumLengths(traces), MetadataAll(traces).value)
  {
    var name := FileName(filename, stamp);
    var path := DataPath(name);
    var withMetadata: seq<(Json, Dict)> := [];
    var i := 0;
    while i < |traces|
      invariant 0 <= i <= |traces|
      invariant MetadataAll(traces[..i]) == Ok(withMetadata)
    {
      assert traces[..i + 1][..i] == traces[..i];
      var m := Metadata(traces[i].1);
      if m.Err? {
        MetadataErrorPersists(traces, i + 1);
        return Err(m.error);
      }
      withMetadata := withMetadata + [(traces[i].0, m.value)];
      i := i + 1;
    }
    assert traces[..i] == traces;
    r := Ok(Saved(path, fetchTime, ProjectId, ServiceName, |traces|, SumLengths(traces), withMetadata));
  }

  lemma {:induction false} SumLengthsPointwise(a: Groups, b: Groups)
    requires |a| == |b| && forall j :: 0 <= j < |a| ==> |a[j].1| == |b[j].1|
    ensures SumLengths(a) == SumLengths(b)
  {
    if a != [] {
      SumLengthsPointwise(a[..|a| - 1], b[..|b| - 1]);
    }
  }

  /** Sorting keeps every list's length, so the saved `total_logs` of a
      fetch is its count of parsed entries, and `total_traces` the number of
      distinct trace ids. */
  lemma FetchedTotals(parsed: seq<Dict>)
    requires Grouped(parsed).Ok? && SortAll(Grouped(parsed).value).Ok?
    ensures SumLengths(SortAll(Grouped(parsed).value).value) == |parsed|
    ensures |SortAll(Grouped(parsed).value).value| == |Grouped(parsed).value|
  {
    var g := Grouped(parsed).value;
    var s := SortAll(g).value;
    forall j | 0 <= j < |g|
      ensures |s[j].1| == |g[j].1|
    {
      assert multiset(s[j].1) == multiset(g[j].1);
      assert |multiset(s[j].1)| == |s[j].1|;
    }
    SumLengthsPointwise(s, g);
    GroupSizesAddUp(parsed);
  }

  // ------------------------------------------------------- file names

  predicate IsJsonName(f: string) {
    |f| >= 5 && f[|f| - 5..] == ".json"
  }

  /** `if not filename.endswith('.json'): filename += '.json'`. */
  function EnsureJson(name: string): (r: string)
    ensures IsJsonName(r)
    ensures IsJsonName(name) ==> r == name
    ensures !IsJsonName(name) ==> r == name + ".json"
  {
    if IsJsonName(name) then name
    else
      assert (name + ".json")[|name|..] == ".json";
      name + ".json"
  }

  /** Applying the rule twice adds nothing more. */
  lemma EnsureJsonIdempotent(name: string)
    ensures EnsureJson(EnsureJson(name)) == EnsureJson(name)
  {
  }

  /** The saved file's name: `logs_<stamp>.json` when none is given. */
  function FileName(filename: Option<string>, stamp: string): (r: string)
    ensures IsJsonName(r)
    ensures filename.None? ==> r == "logs_" + stamp + ".json"
    ensures filename.Some? ==> r == EnsureJson(filename.value)
  {
    if filename.None? then EnsureJson("logs_" + stamp + ".json") else EnsureJson(filename.value)
  }

  /** `list_saved_logs` over the directory listing (None: no directory). */
  function ListSaved(dir: Option<seq<string>>): (r: seq<string>)
    ensures dir.None? ==> r == []
    ensures forall f :: f in r <==> dir.Some? && f in dir.value && IsJsonName(f)
  {
    if dir.None? then []
    else
      forall f ensures f in Filter(dir.value, IsJsonName) <==> f in dir.value && IsJsonName(f) {
        FilterMembers(dir.value, IsJsonName, f);
      }
      Filter(dir.value, IsJsonName)
  }

  /** A file the collector saved is listed. */
  lemma SavedFileListed(dir: seq<string>, filename: Option<string>, stamp: string)
    requires FileName(filename, stamp) in dir
    ensures FileName(filename, stamp) in ListSaved(Some(dir))
  {
  }
}
